/** `quote_swap`: the chunked traversal over tick arrays, proved to be the flat walk. */
module QuoteSwap {
  import opened Wrappers
  import opened MachineInts
  import opened TickWalk
  import opened TickArrays
  import opened WalkTheorems

  const MAX_PASSES := 64

  datatype Quote = Quote(amount: int, used: seq<int>)

  function Initial(pool: Pool, amount: nat): SwapState {
    SwapState(amount, 0, pool.price, pool.tickCurrent, pool.liquidity)
  }

  /** The plain walk over all initialised ticks of the pool. */
  function PoolWalk(lib: Library, order: Order, pool: Pool, amount: nat, passes: nat): WalkResult {
    Walk(lib, order, Flat(pool.arrays), Initial(pool, amount), passes)
  }

  /** `used`, with the array that holds `t` added unless it is already the last. */
  function Reaching(span: int, used: seq<int>, t: Tick): seq<int>
    requires span > 0
  {
    var start := ArrayStart(t.index, span);
    if used != [] && used[|used| - 1] == start then used else used + [start]
  }

  /** The array starts a walk passes through, after those in `used`. */
  function Entered(span: int, used: seq<int>, hops: seq<Hop>): seq<int>
    requires span > 0
    decreases hops
  {
    if hops == [] then used
    else Entered(span, Reaching(span, used, hops[0].tick), hops[1..])
  }

  /** The arrays that hold the ticks visited by the walk, with the first array always among them. */
  function NeededStarts(pool: Pool, first: int, w: WalkResult): seq<int>
    requires pool.span > 0 && w.Ended?
  {
    Entered(pool.span, [first], w.hops)
  }

  /** The array that starts at `start` holds the tick. */
  predicate Holds(span: int, start: int, t: Tick) { start <= t.index < start + span }

  /** Exactly the arrays that hold a tick of the hops are entered, besides those in `used`. */
  lemma {:induction false} EnteredHolds(span: int, used: seq<int>, hops: seq<Hop>)
    requires span > 0
    ensures forall k :: 0 <= k < |hops| ==> ArrayStart(hops[k].tick.index, span) in Entered(span, used, hops)
    ensures forall s :: s in Entered(span, used, hops) ==>
              s in used || exists k :: 0 <= k < |hops| && s == ArrayStart(hops[k].tick.index, span)
    decreases hops
  {
    if hops != [] {
      var now, rest := Reaching(span, used, hops[0].tick), hops[1..];
      EnteredHolds(span, now, rest);
      EnteredGrows(span, now, rest);
      ReachingHolds(span, used, hops[0].tick);
      assert forall k :: 0 < k < |hops| ==> hops[k] == rest[k - 1];
      hide ArrayStart, Reaching;
      forall s | s in Entered(span, used, hops)
        ensures s in used || exists k :: 0 <= k < |hops| && s == ArrayStart(hops[k].tick.index, span)
      {
        if s !in now {
          var k :| 0 <= k < |rest| && s == ArrayStart(rest[k].tick.index, span);
          assert s == ArrayStart(hops[k + 1].tick.index, span);
        } else if s !in used {
          assert s == ArrayStart(hops[0].tick.index, span);
        }
      }
    }
  }

  lemma ReachingHolds(span: int, used: seq<int>, t: Tick)
    requires span > 0
    ensures ArrayStart(t.index, span) in Reaching(span, used, t)
    ensures forall s :: s in Reaching(span, used, t) ==> s in used || s == ArrayStart(t.index, span)
  {
  }

  lemma {:induction false} EnteredAppend(span: int, used: seq<int>, a: seq<Hop>, b: seq<Hop>)
    requires span > 0
    ensures Entered(span, used, a + b) == Entered(span, Entered(span, used, a), b)
    decreases a
  {
    if a == [] {
      assert a + b == b;
    } else {
      assert (a + b)[1..] == a[1..] + b;
      EnteredAppend(span, Reaching(span, used, a[0].tick), a[1..], b);
    }
  }

  lemma {:induction false} EnteredGrows(span: int, used: seq<int>, hops: seq<Hop>)
    requires span > 0
    ensures used <= Entered(span, used, hops)
    decreases hops
  {
    if hops != [] {
      EnteredGrows(span, Reaching(span, used, hops[0].tick), hops[1..]);
    }
  }

  /** Supplied arrays are the pool's own: an array account is determined by its pool and start. */
  predicate Genuine(pool: Pool, supplied: seq<TickArray>) {
    forall a, b :: a in supplied && b in pool.arrays && a.start == b.start ==> a == b
  }

  /** Every array from `first` on has been supplied, in traversal order. */
  ghost predicate FullySupplied(pool: Pool, order: Order, first: int, supplied: seq<TickArray>) {
    forall m: nat :: Discover(pool, order, first, m) <= Starts(supplied)
  }

  /** The supplied arrays are a prefix of the route. */
  predicate OnRoute(pool: Pool, order: Order, first: int, supplied: seq<TickArray>) {
    Starts(supplied) <= Discover(pool, order, first, |supplied|)
  }

  function Joined(done: seq<Hop>, w: WalkResult): WalkResult {
    match w
    case Failed(e) => Failed(e)
    case Ended(final, hops) => Ended(final, done + hops)
  }

  /** What the loop keeps about the arrays it has taken from the queue. */
  ghost predicate Taken(pool: Pool, order: Order, first: int, supplied: seq<TickArray>,
                        used: seq<int>, queue: seq<TickArray>, current: TickArray)
  {
    && 0 < |used| <= |supplied|
    && queue == supplied[|used|..]
    && used <= Starts(supplied)
    && used == Discover(pool, order, first, |used|)
    && used[|used| - 1] == current.start
  }

  lemma PrefixGrows(p: seq<int>, s: seq<int>)
    requires p <= s && |p| < |s|
    ensures p + [s[|p|]] <= s
  {
    assert s == p + s[|p|..];
  }

  lemma {:induction false} TakeNext(pool: Pool, order: Order, first: int, supplied: seq<TickArray>,
                 used: seq<int>, queue: seq<TickArray>, current: TickArray)
    requires Taken(pool, order, first, supplied, used, queue, current)
    requires queue != [] && NextStart(pool.arrays, order, current.start) == Some(queue[0].start)
    ensures Taken(pool, order, first, supplied, used + [queue[0].start], queue[1..], queue[0])
  {
    hide Discover, Starts, NextStart;
    var next := queue[0].start;
    assert queue[1..] == supplied[|used| + 1..];
    assert used + [next] <= Starts(supplied) by {
      assert Starts(supplied)[|used|] == next;
      PrefixGrows(used, Starts(supplied));
    }
    assert used + [next] == Discover(pool, order, first, |used| + 1) by {
      DiscoverStep(pool, order, first, |used|);
    }
  }

  /** Running out of supplied arrays, or meeting the wrong one, is never the walk's own doing. */
  lemma {:induction false} NotSupplied(pool: Pool, order: Order, first: int, supplied: seq<TickArray>,
                    used: seq<int>, queue: seq<TickArray>, current: TickArray, next: int)
    requires Taken(pool, order, first, supplied, used, queue, current)
    requires NextStart(pool.arrays, order, current.start) == Some(next)
    requires queue == [] || queue[0].start != next
    ensures !(used + [next] <= Starts(supplied))
    ensures !FullySupplied(pool, order, first, supplied)
    ensures queue != [] ==> !OnRoute(pool, order, first, supplied)
  {
    hide Discover, NextStart;
    DiscoverStep(pool, order, first, |used|);
    assert Discover(pool, order, first, |used| + 1) == used + [next];
    assert (used + [next])[|used|] == next;
    if queue != [] {
      assert Starts(supplied)[|used|] == queue[0].start;
      DiscoverPrefix(pool, order, first, |used| + 1, |supplied|);
      assert Discover(pool, order, first, |supplied|)[|used|] == next;
    }
  }

  /** When the next hop needs an array that was not supplied, the walk's arrays were not supplied. */
  lemma {:induction false} HopNeedsArray(span: int, used: seq<int>, hops: seq<Hop>, next: int, supplied: seq<int>)
    requires span > 0 && used != [] && hops != []
    requires ArrayStart(hops[0].tick.index, span) == next != used[|used| - 1]
    requires !(used + [next] <= supplied)
    ensures !(Entered(span, used, hops) <= supplied)
  {
    EnteredGrows(span, used + [next], hops[1..]);
  }

  /** Same answer as the walk: the amount and the arrays on success, the error on failure. */
  predicate Agrees(pool: Pool, first: int, w: WalkResult, r: Result<Quote, QuoteError>)
    requires pool.span > 0
  {
    match w
    case Failed(e) => r == Failure(e)
    case Ended(final, _) => r == Success(Quote(final.calculated, NeededStarts(pool, first, w)))
  }

  lemma JoinedStep(lib: Library, order: Order, ticks: seq<Tick>, s: SwapState, fuel: nat, done: seq<Hop>)
    requires fuel > 0 && !Finished(lib, order, s)
    ensures match Nearest(ticks, order, s.tick)
            case None => Joined(done, Walk(lib, order, ticks, s, fuel)) == Failed(ArraysExhausted)
            case Some(t) =>
              match Advance(lib, order, s, t)
              case Failure(e) => Joined(done, Walk(lib, order, ticks, s, fuel)) == Failed(e)
              case Success(hop) =>
                Joined(done, Walk(lib, order, ticks, s, fuel))
                  == Joined(done + [hop], Walk(lib, order, ticks, hop.after, fuel - 1))
  {
    match Nearest(ticks, order, s.tick)
    case None =>
    case Some(t) =>
      match Advance(lib, order, s, t)
      case Failure(e) =>
      case Success(hop) =>
        match Walk(lib, order, ticks, hop.after, fuel - 1)
        case Failed(_) =>
        case Ended(_, hops) => assert done + ([hop] + hops) == done + [hop] + hops;
  }

  /** Lines 63-97 of the loop: the next tick to aim at, entering another array when needed. */
  datatype Cursor = Cursor(current: TickArray, matches: bool, queue: seq<TickArray>, used: seq<int>)

  ghost predicate CursorHolds(pool: Pool, order: Order, first: int, supplied: seq<TickArray>, c: Cursor) {
    Taken(pool, order, first, supplied, c.used, c.queue, c.current) && c.current in pool.arrays
  }

  datatype Lookup = Lookup(tick: Tick, cursor: Cursor)

  /** The supply, not the pool, stops the walk: its next array was not supplied. */
  ghost predicate SupplyRanOut(pool: Pool, order: Order, first: int, supplied: seq<TickArray>, c: Cursor, tick: int,
                               e: QuoteError)
    requires pool.span > 0 && c.used != []
  {
    && (e == NeedsAnotherArray || e == WrongOrder)
    && (e == WrongOrder ==> !OnRoute(pool, order, first, supplied))
    && !FullySupplied(pool, order, first, supplied)
    && (BitmapIsExact(pool) ==>
          var near := Nearest(Flat(pool.arrays), order, tick);
          near.Some? && var start := ArrayStart(near.value.index, pool.span);
                        start != c.used[|c.used| - 1] && !(c.used + [start] <= Starts(supplied)))
  }

  /** The lookup found the tick that is nearest in the whole pool, and the cursor moved to its array. */
  ghost predicate Located(pool: Pool, order: Order, first: int, supplied: seq<TickArray>, c: Cursor, tick: int,
                          l: Lookup)
    requires pool.span > 0
  {
    && Nearest(Flat(pool.arrays), order, tick) == Some(l.tick)
    && CursorHolds(pool, order, first, supplied, l.cursor) && l.cursor.matches
    && l.tick in l.cursor.current.ticks
    && NoneBefore(pool, order, tick, l.cursor.current.start)
    && l.cursor.used == Reaching(pool.span, c.used, l.tick)
  }

  ghost predicate NotLocated(pool: Pool, order: Order, first: int, supplied: seq<TickArray>, c: Cursor, tick: int,
                             e: QuoteError)
    requires pool.span > 0 && c.used != []
  {
    || (e == ArraysExhausted && Nearest(Flat(pool.arrays), order, tick).None?)
    || (e == EmptyArray && !BitmapIsExact(pool))
    || SupplyRanOut(pool, order, first, supplied, c, tick, e)
  }

  lemma FoundInCurrent(pool: Pool, order: Order, first: int, supplied: seq<TickArray>, c: Cursor, tick: int, t: Tick)
    requires WellFormed(pool) && CursorHolds(pool, order, first, supplied, c)
    requires NoneBefore(pool, order, tick, c.current.start) && IsNearest(c.current.ticks, order, tick, t)
    ensures Located(pool, order, first, supplied, c, tick, Lookup(t, c.(matches := true)))
  {
    NearestInArray(pool, order, tick, c.current, t);
    assert HoldsItsTicks(c.current, pool.span);
  }

  lemma {:induction false} FoundInNext(pool: Pool, order: Order, first: int, supplied: seq<TickArray>, c: Cursor,
                                       tick: int, t: Tick)
    requires WellFormed(pool) && Genuine(pool, supplied) && CursorHolds(pool, order, first, supplied, c)
    requires Positioned(pool, order, tick, c.current, true)
    requires NextInitialized(c.current, order, tick, pool.span).None?
    requires c.queue != [] && NextStart(pool.arrays, order, c.current.start) == Some(c.queue[0].start)
    requires FirstInitialized(c.queue[0], order, pool.span) == Some(t)
    ensures Located(pool, order, first, supplied, c, tick,
                    Lookup(t, Cursor(c.queue[0], true, c.queue[1..], c.used + [c.queue[0].start])))
  {
    var next := c.queue[0];
    assert next in pool.arrays by {
      assert next in supplied;
      var holder :| holder in pool.arrays && holder.start == next.start;
    }
    assert HoldsItsTicks(next, pool.span);
    UsedUp(pool, order, tick, c.current);
    TakeNext(pool, order, first, supplied, c.used, c.queue, c.current);
    NextArrayAhead(pool, order, tick, c.current, next);
    FirstIsNearest(pool, order, tick, next, t);
    NearestInArray(pool, order, tick, next, t);
  }

  lemma {:induction false} Starved(pool: Pool, order: Order, first: int, supplied: seq<TickArray>, c: Cursor,
                                   tick: int, next: int)
    requires WellFormed(pool) && CursorHolds(pool, order, first, supplied, c)
    requires Positioned(pool, order, tick, c.current, true)
    requires NextInitialized(c.current, order, tick, pool.span).None?
    requires NextStart(pool.arrays, order, c.current.start) == Some(next)
    requires c.queue == [] || c.queue[0].start != next
    ensures SupplyRanOut(pool, order, first, supplied, c, tick, if c.queue == [] then NeedsAnotherArray else WrongOrder)
  {
    NotSupplied(pool, order, first, supplied, c.used, c.queue, c.current, next);
    var holder :| holder in pool.arrays && holder.start == next;
    if holder.ticks != [] {
      NextArrayIsNearest(pool, order, tick, c.current, holder);
    }
  }

  /** What the look-ups of one pass come to. */
  function Find(pool: Pool, order: Order, tick: int, c: Cursor): Result<Lookup, QuoteError>
    requires pool.span > 0
  {
    match NextInitialized(c.current, order, tick, pool.span)
    case Some(t) => Success(Lookup(t, c))
    case None =>
      if !c.matches then
        match FirstInitialized(c.current, order, pool.span)
        case None => Failure(EmptyArray)
        case Some(t) => Success(Lookup(t, c.(matches := true)))
      else FindAfter(pool, order, c)
  }

  /** The array in hand is used up: the next one of the queue must be the pool's next. */
  function FindAfter(pool: Pool, order: Order, c: Cursor): Result<Lookup, QuoteError>
    requires pool.span > 0
  {
    match NextStart(pool.arrays, order, c.current.start)
    case None => Failure(ArraysExhausted)
    case Some(next) =>
      if c.queue == [] then Failure(NeedsAnotherArray)
      else if c.queue[0].start != next then Failure(WrongOrder)
      else
        match FirstInitialized(c.queue[0], order, pool.span)
        case None => Failure(EmptyArray)
        case Some(t) => Success(Lookup(t, Cursor(c.queue[0], c.matches, c.queue[1..], c.used + [next])))
  }

  /** The loop with `fuel` passes left. */
  function Loop(lib: Library, order: Order, pool: Pool, s: SwapState, c: Cursor, fuel: nat): Result<Quote, QuoteError>
    requires pool.span > 0
    decreases fuel
  {
    if fuel == 0 then Failure(TraversalLimit)
    else if Finished(lib, order, s) then Success(Quote(s.calculated, c.used))
    else
      match Find(pool, order, s.tick, c)
      case Failure(e) => Failure(e)
      case Success(l) =>
        match Advance(lib, order, s, l.tick)
        case Failure(e) => Failure(e)
        case Success(hop) => Loop(lib, order, pool, hop.after, l.cursor, fuel - 1)
  }

  /** The quote as a function of its inputs. */
  function QuoteOver(lib: Library, order: Order, amount: nat, pool: Pool, supplied: seq<TickArray>, passes: nat)
    : Result<Quote, QuoteError>
    requires pool.span > 0
  {
    if amount == 0 then Failure(ZeroAmount)
    else
      match FirstArray(pool, order)
      case None => Failure(NoInitializedArray)
      case Some(f) =>
        if supplied == [] then Failure(NoArraySupplied)
        else if supplied[0].start != f.start then Failure(WrongOrder)
        else Loop(lib, order, pool, Initial(pool, amount),
          Cursor(supplied[0], f.matchesCurrent, supplied[1..], [f.start]), passes)
  }

  /** A queue that is longer behind changes nothing about a look-up that succeeds. */
  lemma FindWithMore(pool: Pool, order: Order, tick: int, c: Cursor, more: seq<TickArray>)
    requires pool.span > 0 && Find(pool, order, tick, c).Success?
    ensures var l := Find(pool, order, tick, c).value;
            Find(pool, order, tick, c.(queue := c.queue + more))
              == Success(l.(cursor := l.cursor.(queue := l.cursor.queue + more)))
  {
    if c.queue != [] {
      assert (c.queue + more)[1..] == c.queue[1..] + more;
    }
  }

  lemma {:induction false} LoopWithMore(lib: Library, order: Order, pool: Pool, s: SwapState, c: Cursor, fuel: nat,
                                        more: seq<TickArray>)
    requires pool.span > 0 && Loop(lib, order, pool, s, c, fuel).Success?
    ensures Loop(lib, order, pool, s, c.(queue := c.queue + more), fuel) == Loop(lib, order, pool, s, c, fuel)
    decreases fuel
  {
    hide Find, Advance;
    if !Finished(lib, order, s) {
      FindWithMore(pool, order, s.tick, c, more);
      var l := Find(pool, order, s.tick, c).value;
      LoopWithMore(lib, order, pool, Advance(lib, order, s, l.tick).value.after, l.cursor, fuel - 1, more);
    }
  }

  /** An Ok quote stays the same when more arrays are supplied behind those it was made over,
      whatever the pool, its bitmap and the arrays. */
  lemma MoreArraysSameQuote(lib: Library, order: Order, amount: nat, pool: Pool,
                                               supplied: seq<TickArray>, more: seq<TickArray>, passes: nat)
    requires pool.span > 0 && QuoteOver(lib, order, amount, pool, supplied, passes).Success?
    ensures QuoteOver(lib, order, amount, pool, supplied + more, passes)
            == QuoteOver(lib, order, amount, pool, supplied, passes)
  {
    hide Loop;
    var f := FirstArray(pool, order).value;
    var c := Cursor(supplied[0], f.matchesCurrent, supplied[1..], [f.start]);
    assert (supplied + more)[1..] == supplied[1..] + more;
    LoopWithMore(lib, order, pool, Initial(pool, amount), c, passes, more);
  }

  method FindNext(pool: Pool, order: Order, tick: int, c: Cursor, ghost first: int, ghost supplied: seq<TickArray>)
    returns (r: Result<Lookup, QuoteError>)
    requires WellFormed(pool) && Genuine(pool, supplied)
    requires CursorHolds(pool, order, first, supplied, c)
    requires Positioned(pool, order, tick, c.current, c.matches)
    ensures r == Find(pool, order, tick, c)
    ensures r.Success? ==> Located(pool, order, first, supplied, c, tick, r.value)
    ensures r.Failure? ==> NotLocated(pool, order, first, supplied, c, tick, r.error)
  {
    var Cursor(current, matches, queue, used) := c;
    var nextTick := NextInitialized(current, order, tick, pool.span);
    if nextTick.None? && !matches {
      matches := true;
      nextTick := FirstInitialized(current, order, pool.span);
      if nextTick.None? {
        if current.ticks != [] { FirstExists(pool, order, current); }
        return Failure(EmptyArray);
      }
      AheadInLaterArray(pool, order, tick, current);
      FirstIsNearest(pool, order, tick, current, nextTick.value);
    }
    if nextTick.None? {
      UsedUp(pool, order, tick, current);
      var next := NextStart(pool.arrays, order, current.start);
      if next.None? {
        return Failure(ArraysExhausted);
      }
      if queue == [] {
        Starved(pool, order, first, supplied, c, tick, next.value);
        return Failure(NeedsAnotherArray);
      }
      if queue[0].start != next.value {
        Starved(pool, order, first, supplied, c, tick, next.value);
        return Failure(WrongOrder);
      }
      nextTick := FirstInitialized(queue[0], order, pool.span);
      if nextTick.None? {
        EnteredEmpty(pool, order, supplied, queue[0], next.value);
        return Failure(EmptyArray);
      }
      FoundInNext(pool, order, first, supplied, c, tick, nextTick.value);
      current, queue, used := queue[0], queue[1..], used + [next.value];
    } else {
      FoundInCurrent(pool, order, first, supplied, c, tick, nextTick.value);
    }
    return Success(Lookup(nextTick.value, Cursor(current, matches, queue, used)));
  }

  lemma EnteredEmpty(pool: Pool, order: Order, supplied: seq<TickArray>, next: TickArray, start: int)
    requires WellFormed(pool) && Genuine(pool, supplied) && next in supplied && next.start == start
    requires HasArray(pool.arrays, start) && FirstInitialized(next, order, pool.span).None?
    ensures !BitmapIsExact(pool)
  {
    var holder :| holder in pool.arrays && holder.start == start;
    if holder.ticks != [] { FirstExists(pool, order, holder); }
  }

  lemma {:induction false} NextArrayIsNearest(pool: Pool, order: Order, tick: int, current: TickArray,
                                              holder: TickArray)
    requires WellFormed(pool) && Positioned(pool, order, tick, current, true) && holder in pool.arrays
    requires NextInitialized(current, order, tick, pool.span).None? && holder.ticks != []
    requires NextStart(pool.arrays, order, current.start) == Some(holder.start)
    ensures var near := Nearest(Flat(pool.arrays), order, tick);
            near.Some? && ArrayStart(near.value.index, pool.span) == holder.start
  {
    FirstExists(pool, order, holder);
    var t := FirstInitialized(holder, order, pool.span).value;
    UsedUp(pool, order, tick, current);
    NextArrayAhead(pool, order, tick, current, holder);
    FirstIsNearest(pool, order, tick, holder, t);
    NearestInArray(pool, order, tick, holder, t);
  }

  lemma {:induction false} FirstHop(lib: Library, order: Order, ticks: seq<Tick>, s: SwapState, fuel: nat)
    requires !Finished(lib, order, s) && Walk(lib, order, ticks, s, fuel).Ended?
    ensures var hops := Walk(lib, order, ticks, s, fuel).hops;
            hops != [] && Nearest(ticks, order, s.tick) == Some(hops[0].tick)
  {
  }

  /** A walk that ends although its next array was not supplied needs arrays that were not supplied. */
  lemma {:induction false} RanOutMeansNeeded(lib: Library, order: Order, pool: Pool, first: int,
                                             supplied: seq<TickArray>,
                          s: SwapState, fuel: nat, done: seq<Hop>, c: Cursor, e: QuoteError)
    requires WellFormed(pool) && BitmapIsExact(pool) && c.used == Entered(pool.span, [first], done) && c.used != []
    requires SupplyRanOut(pool, order, first, supplied, c, s.tick, e)
    requires !Finished(lib, order, s)
    requires Walk(lib, order, Flat(pool.arrays), s, fuel).Ended?
    ensures !(Entered(pool.span, [first], done + Walk(lib, order, Flat(pool.arrays), s, fuel).hops) <= Starts(supplied))
  {
    var hops := Walk(lib, order, Flat(pool.arrays), s, fuel).hops;
    FirstHop(lib, order, Flat(pool.arrays), s, fuel);
    hide Walk, Advance, Entered, Discover, Starts;
    EnteredAppend(pool.span, [first], done, hops);
    var start := ArrayStart(hops[0].tick.index, pool.span);
    HopNeedsArray(pool.span, c.used, hops, start, Starts(supplied));
  }

  /** What a quote means against the flat walk `w`, when `first` is the first initialised array. */
  ghost predicate MeetsWalk(pool: Pool, order: Order, supplied: seq<TickArray>, first: int, w: WalkResult,
                            r: Result<Quote, QuoteError>)
    requires pool.span > 0
  {
    // a quote is the walk's amount, over the prefix of the supplied route that the walk passes through
    && (r.Success? ==> Agrees(pool, first, w, r)
                       && r.value.used <= Starts(supplied)
                       && r.value.used == Discover(pool, order, first, |r.value.used|))
    // it is given whenever the walk ends within the supplied arrays
    && (BitmapIsExact(pool) && w.Ended? && NeededStarts(pool, first, w) <= Starts(supplied) ==> r.Success?)
    // with every array of the route supplied, errors agree as well
    && (BitmapIsExact(pool) && FullySupplied(pool, order, first, supplied) ==> Agrees(pool, first, w, r))
    && (OnRoute(pool, order, first, supplied) ==> r != Failure(WrongOrder))
    // every error that is not about the arrays is the walk's own
    && (r.Failure? ==> w == Failed(r.error)
                       || r.error in {NoArraySupplied, NeedsAnotherArray, WrongOrder, EmptyArray})
  }

  /** The answer of a walk that has `done` behind it and stands at `s`. */
  function Resumed(lib: Library, order: Order, pool: Pool, s: SwapState, done: seq<Hop>, fuel: nat): WalkResult {
    Joined(done, Walk(lib, order, Flat(pool.arrays), s, fuel))
  }

  /** What holds at every loop head, with `fuel` passes left and the hops in `done` behind it. */
  ghost predicate LoopHolds(lib: Library, order: Order, pool: Pool, supplied: seq<TickArray>, first: int, w: WalkResult,
                            s: SwapState, c: Cursor, done: seq<Hop>, fuel: nat)
    requires pool.span > 0
  {
    && w == Resumed(lib, order, pool, s, done, fuel)
    && Consistent(lib, s) && s.remaining >= 0 && s.calculated >= 0
    && CursorHolds(pool, order, first, supplied, c)
    && c.used == Entered(pool.span, [first], done)
    && (Finished(lib, order, s) || Positioned(pool, order, s.tick, c.current, c.matches))
  }

  lemma AnswerWhenFinished(lib: Library, order: Order, pool: Pool, supplied: seq<TickArray>, first: int, w: WalkResult,
                           s: SwapState, c: Cursor, done: seq<Hop>, fuel: nat)
    requires pool.span > 0 && fuel > 0 && Finished(lib, order, s)
    requires LoopHolds(lib, order, pool, supplied, first, w, s, c, done, fuel)
    ensures MeetsWalk(pool, order, supplied, first, w, Success(Quote(s.calculated, c.used)))
  {
    assert done + [] == done;
  }

  /** The walk fails with the same error, so nothing else is asked of the quote. */
  lemma AnswerWhenWalkFails(pool: Pool, order: Order, supplied: seq<TickArray>, first: int, w: WalkResult,
                            e: QuoteError)
    requires pool.span > 0 && w == Failed(e) && e != WrongOrder
    ensures MeetsWalk(pool, order, supplied, first, w, Failure(e))
  {
  }

  lemma AnswerAtLimit(lib: Library, order: Order, pool: Pool, supplied: seq<TickArray>, first: int, w: WalkResult,
                      s: SwapState, c: Cursor, done: seq<Hop>)
    requires pool.span > 0 && LoopHolds(lib, order, pool, supplied, first, w, s, c, done, 0)
    ensures MeetsWalk(pool, order, supplied, first, w, Failure(TraversalLimit))
  {
    AnswerWhenWalkFails(pool, order, supplied, first, w, TraversalLimit);
  }

  lemma AnswerWhenNotLocated(lib: Library, order: Order, pool: Pool, supplied: seq<TickArray>, first: int,
                             w: WalkResult,
                             s: SwapState, c: Cursor, done: seq<Hop>, fuel: nat, e: QuoteError)
    requires WellFormed(pool) && fuel > 0 && !Finished(lib, order, s)
    requires LoopHolds(lib, order, pool, supplied, first, w, s, c, done, fuel)
    requires NotLocated(pool, order, first, supplied, c, s.tick, e)
    ensures MeetsWalk(pool, order, supplied, first, w, Failure(e))
  {
    JoinedStep(lib, order, Flat(pool.arrays), s, fuel, done);
    if BitmapIsExact(pool) && w.Ended? {
      RanOutMeansNeeded(lib, order, pool, first, supplied, s, fuel, done, c, e);
    }
  }

  lemma LoopAdvances(lib: Library, order: Order, pool: Pool, supplied: seq<TickArray>, first: int, w: WalkResult,
                     s: SwapState, c: Cursor, done: seq<Hop>, fuel: nat, l: Lookup)
    requires LibraryContract(lib) && WellFormed(pool) && fuel > 0 && !Finished(lib, order, s)
    requires LoopHolds(lib, order, pool, supplied, first, w, s, c, done, fuel)
    requires Located(pool, order, first, supplied, c, s.tick, l)
    ensures match Advance(lib, order, s, l.tick)
            case Failure(e) => w == Failed(e) && e != WrongOrder
            case Success(hop) => LoopHolds(lib, order, pool, supplied, first, w, hop.after, l.cursor, done + [hop],
              fuel - 1)
  {
    JoinedStep(lib, order, Flat(pool.arrays), s, fuel, done);
    hide Walk, Advance, Discover, Starts;
    if Advance(lib, order, s, l.tick).Success? {
      AdvanceKeeps(lib, order, s, l.tick);
      var hop := Advance(lib, order, s, l.tick).value;
      EnteredAppend(pool.span, [first], done, [hop]);
      assert Entered(pool.span, c.used, [hop]) == Reaching(pool.span, c.used, l.tick) by {
        assert Entered(pool.span, Reaching(pool.span, c.used, l.tick), []) == Reaching(pool.span, c.used, l.tick);
      }
      if Crossed(lib, order, l.tick, hop.after) {
        PositionedAfterCrossing(pool, order, s.tick, l.cursor.current, l.tick, hop.after.tick);
      }
    }
  }

  lemma LoopStarts(lib: Library, order: Order, pool: Pool, supplied: seq<TickArray>, amount: nat, passes: nat)
    requires LibraryContract(lib) && WellFormed(pool) && Genuine(pool, supplied)
    requires Consistent(lib, Initial(pool, amount)) && supplied != []
    requires FirstArray(pool, order).Some? && supplied[0].start == FirstArray(pool, order).value.start
    ensures var f := FirstArray(pool, order).value;
            LoopHolds(lib, order, pool, supplied, f.start, PoolWalk(lib, order, pool, amount, passes),
              Initial(pool, amount),
                      Cursor(supplied[0], f.matchesCurrent, supplied[1..], [f.start]), [], passes)
  {
    var f := FirstArray(pool, order).value;
    assert supplied[0] in pool.arrays by {
      var b :| b in pool.arrays && b.start == f.start;
    }
    FirstNotSupplied(pool, order, f.start, supplied);
    PositionedAtStart(pool, order, supplied[0]);
    var w := PoolWalk(lib, order, pool, amount, passes);
    assert w == Joined([], w);
    assert Starts(supplied)[0] == f.start;
  }

  lemma AnswerWhenFirstMissing(order: Order, pool: Pool, supplied: seq<TickArray>, first: int, w: WalkResult)
    requires pool.span > 0 && (supplied == [] || supplied[0].start != first)
    ensures MeetsWalk(pool, order, supplied, first, w, Failure(if supplied == [] then NoArraySupplied else WrongOrder))
  {
    FirstNotSupplied(pool, order, first, supplied);
    if w.Ended? { EnteredGrows(pool.span, [first], w.hops); }
  }

  datatype Moved = Moved(hop: Hop, cursor: Cursor)

  /** The body of the loop after its exit test. */
  method MoveOn(lib: Library, order: Order, pool: Pool, s: SwapState, c: Cursor,
                ghost supplied: seq<TickArray>, ghost first: int, ghost w: WalkResult, ghost done: seq<Hop>,
                  ghost fuel: nat)
    returns (r: Result<Moved, QuoteError>)
    requires LibraryContract(lib) && WellFormed(pool) && Genuine(pool, supplied) && fuel > 0 && !Finished(lib, order, s)
    requires LoopHolds(lib, order, pool, supplied, first, w, s, c, done, fuel)
    ensures Loop(lib, order, pool, s, c, fuel)
              == match r
                 case Failure(e) => Failure(e)
                 case Success(moved) => Loop(lib, order, pool, moved.hop.after, moved.cursor, fuel - 1)
    ensures r.Success? ==>
              LoopHolds(lib, order, pool, supplied, first, w, r.value.hop.after, r.value.cursor, done + [r.value.hop],
                fuel - 1)
    ensures r.Failure? ==> MeetsWalk(pool, order, supplied, first, w, Failure(r.error))
  {
    var found := FindNext(pool, order, s.tick, c, first, supplied);
    if found.Failure? {
      AnswerWhenNotLocated(lib, order, pool, supplied, first, w, s, c, done, fuel, found.error);
      return Failure(found.error);
    }
    LoopAdvances(lib, order, pool, supplied, first, w, s, c, done, fuel, found.value);
    var pass := Advance(lib, order, s, found.value.tick);
    if pass.Failure? {
      AnswerWhenWalkFails(pool, order, supplied, first, w, pass.error);
      return Failure(pass.error);
    }
    return Success(Moved(pass.value, found.value.cursor));
  }

  lemma {:induction false} LoopEnds(lib: Library, order: Order, pool: Pool, s: SwapState, c: Cursor, fuel: nat)
    requires pool.span > 0 && fuel > 0 && Finished(lib, order, s)
    ensures Loop(lib, order, pool, s, c, fuel) == Success(Quote(s.calculated, c.used))
  {
  }

  lemma {:induction false} LoopRunsOut(lib: Library, order: Order, pool: Pool, s: SwapState, c: Cursor)
    requires pool.span > 0
    ensures Loop(lib, order, pool, s, c, 0) == Failure(TraversalLimit)
  {
  }

  /** The loop itself. */
  method Traverse(lib: Library, order: Order, pool: Pool, start: SwapState, c: Cursor,
                  ghost supplied: seq<TickArray>, ghost first: int, ghost w: WalkResult, passes: nat)
    returns (r: Result<Quote, QuoteError>)
    requires pool.span > 0 && LibraryContract(lib) && WellFormed(pool) && Genuine(pool, supplied)
    requires LoopHolds(lib, order, pool, supplied, first, w, start, c, [], passes)
    ensures r == Loop(lib, order, pool, start, c, passes)
    ensures MeetsWalk(pool, order, supplied, first, w, r)
  {
    hide *;
    var state, cursor := start, c;
    ghost var done: seq<Hop> := [];
    for i := 0 to passes
      invariant LoopHolds(lib, order, pool, supplied, first, w, state, cursor, done, passes - i)
      invariant Loop(lib, order, pool, start, c, passes) == Loop(lib, order, pool, state, cursor, passes - i)
    {
      if Finished(lib, order, state) {
        AnswerWhenFinished(lib, order, pool, supplied, first, w, state, cursor, done, passes - i);
        LoopEnds(lib, order, pool, state, cursor, passes - i);
        return Success(Quote(state.calculated, cursor.used));
      }
      var moved := MoveOn(lib, order, pool, state, cursor, supplied, first, w, done, passes - i);
      if moved.Failure? {
        return Failure(moved.error);
      }
      state, cursor, done := moved.value.hop.after, moved.value.cursor, done + [moved.value.hop];
    }
    AnswerAtLimit(lib, order, pool, supplied, first, w, state, cursor, done);
    LoopRunsOut(lib, order, pool, state, cursor);
    return Failure(TraversalLimit);
  }

  method QuoteSwap(lib: Library, order: Order, amount: nat, pool: Pool, supplied: seq<TickArray>,
                   passes: nat := MAX_PASSES)
    returns (r: Result<Quote, QuoteError>)
    requires LibraryContract(lib) && WellFormed(pool) && Genuine(pool, supplied)
    requires Consistent(lib, Initial(pool, amount))
    ensures r == QuoteOver(lib, order, amount, pool, supplied, passes)
    ensures amount == 0 ==> r == Failure(ZeroAmount)
    ensures amount > 0 && FirstArray(pool, order).None? ==> r == Failure(NoInitializedArray)
    ensures amount > 0 && FirstArray(pool, order).Some? ==>
              MeetsWalk(pool, order, supplied, FirstArray(pool, order).value.start,
                        PoolWalk(lib, order, pool, amount, passes), r)
  {
    if amount == 0 {
      return Failure(ZeroAmount);
    }
    var firstArray := FirstArray(pool, order);
    if firstArray.None? {
      return Failure(NoInitializedArray);
    }
    var first := firstArray.value.start;
    ghost var w := PoolWalk(lib, order, pool, amount, passes);
    if supplied == [] {
      AnswerWhenFirstMissing(order, pool, supplied, first, w);
      return Failure(NoArraySupplied);
    }
    if supplied[0].start != first {
      AnswerWhenFirstMissing(order, pool, supplied, first, w);
      return Failure(WrongOrder);
    }
    var cursor := Cursor(supplied[0], firstArray.value.matchesCurrent, supplied[1..], [first]);
    var state := Initial(pool, amount);
    LoopStarts(lib, order, pool, supplied, amount, passes);

    r := Traverse(lib, order, pool, state, cursor, supplied, first, w, passes);
  }

  lemma {:induction false} FirstNotSupplied(pool: Pool, order: Order, first: int, supplied: seq<TickArray>)
    ensures Discover(pool, order, first, 1) == [first]
    ensures (supplied == [] || supplied[0].start != first) ==>
              && !FullySupplied(pool, order, first, supplied)
              && !([first] <= Starts(supplied))
              && (supplied != [] ==> !OnRoute(pool, order, first, supplied))
  {
    var r := NextStart(pool.arrays, order, first);
    if r.Some? {
      assert Discover(pool, order, r.value, 0) == [];
    }
    if supplied != [] {
      assert Starts(supplied)[0] == supplied[0].start;
      DiscoverPrefix(pool, order, first, 1, |supplied|);
      assert Discover(pool, order, first, |supplied|)[0] == first;
    }
  }

  // ---------------------------------------------------------------- what this means for a pool

  /** With at most 63 initialised ticks ahead, no quote hits the traversal limit. */
  lemma {:induction false} LimitUnreachable(lib: Library, order: Order, amount: nat, pool: Pool,
                                            supplied: seq<TickArray>, first: int,
                         r: Result<Quote, QuoteError>, passes: nat)
    requires LibraryContract(lib) && WellFormed(pool) && Consistent(lib, Initial(pool, amount))
    requires passes == MAX_PASSES && CountAhead(Flat(pool.arrays), order, pool.tickCurrent) <= 63
    requires MeetsWalk(pool, order, supplied, first, PoolWalk(lib, order, pool, amount, passes), r)
    ensures r != Failure(TraversalLimit)
  {
    LimitNeedsManyTicks(lib, order, Flat(pool.arrays), Initial(pool, amount), passes);
  }

  /** `t` was ahead of `from` and no longer is ahead of `to`. */
  predicate Passed(order: Order, t: Tick, from: int, to: int) {
    Ahead(order, t.index, from) && !Ahead(order, t.index, to)
  }

  /** Where a swap of `amount` starts: at the pool's price, tick and liquidity, with nothing swapped yet. */
  function StartOf(pool: Pool, amount: nat): SwapState {
    SwapState(remaining := amount, calculated := 0, price := pool.price, tick := pool.tickCurrent,
      liquidity := pool.liquidity)
  }

  /** An error that is not about the supplied arrays is that of the walk, and has its cause in the pass
      from the walk's last head state; the traversal limit means that all passes were made. */
  lemma {:induction false} QuoteErrorHasCause(lib: Library, order: Order, amount: nat, pool: Pool,
                                              supplied: seq<TickArray>, first: int,
                                              r: Result<Quote, QuoteError>, passes: nat)
    requires LibraryContract(lib) && WellFormed(pool) && Consistent(lib, Initial(pool, amount))
    requires LiquidityMatches(Flat(pool.arrays), Initial(pool, amount))
    requires MeetsWalk(pool, order, supplied, first, PoolWalk(lib, order, pool, amount, passes), r) && r.Failure?
    requires r.error !in {NoArraySupplied, NeedsAnotherArray, WrongOrder, EmptyArray}
    ensures var heads := Heads(lib, order, Flat(pool.arrays), StartOf(pool, amount), passes);
            if r.error == TraversalLimit then |heads| == passes
            else heads != [] && Cause(lib, order, Flat(pool.arrays), heads[|heads| - 1], r.error)
  {
    hide Cause;
    FlatDistinct(pool);
    FailureHasCause(lib, order, Flat(pool.arrays), Initial(pool, amount), passes);
  }

  lemma UsedHolds(pool: Pool, first: int, w: WalkResult, used: seq<int>)
    requires pool.span > 0 && w.Ended? && used == NeededStarts(pool, first, w)
    ensures forall k :: 0 <= k < |w.hops| ==> exists s :: s in used && Holds(pool.span, s, w.hops[k].tick)
    ensures forall s :: s in used ==>
              s == first || exists k :: 0 <= k < |w.hops| && Holds(pool.span, s, w.hops[k].tick)
  {
    EnteredHolds(pool.span, [first], w.hops);
    hide Entered, ArrayStart;
    forall k | 0 <= k < |w.hops|
      ensures exists s :: s in used && Holds(pool.span, s, w.hops[k].tick)
    {
      ArrayStartBounds(w.hops[k].tick.index, pool.span);
    }
    forall s | s in used && s != first
      ensures exists k :: 0 <= k < |w.hops| && Holds(pool.span, s, w.hops[k].tick)
    {
      var k :| 0 <= k < |w.hops| && s == ArrayStart(w.hops[k].tick.index, pool.span);
      ArrayStartBounds(w.hops[k].tick.index, pool.span);
    }
  }

  /** A pool whose active liquidity starts right is quoted with the right liquidity at every head,
      and every amount the quote reports is accounted for by its steps. */
  lemma QuoteIsAccountedFor(lib: Library, order: Order, amount: nat, pool: Pool, supplied: seq<TickArray>, first: int,
                            r: Result<Quote, QuoteError>, passes: nat)
    requires LibraryContract(lib) && WellFormed(pool) && Consistent(lib, Initial(pool, amount))
    requires LiquidityMatches(Flat(pool.arrays), Initial(pool, amount))
    requires MeetsWalk(pool, order, supplied, first, PoolWalk(lib, order, pool, amount, passes), r) && r.Success?
    ensures var w := PoolWalk(lib, order, pool, amount, passes);
            && (forall k :: 0 <= k < |w.hops| ==>
                  PassIs(lib, order, Flat(pool.arrays), HeadOf(StartOf(pool, amount), w.hops, k), w.hops[k]))
            && r.value.amount == (if order.exactIn then SumOut(w.hops) else SumIn(w.hops))
            && amount - w.final.remaining == (if order.exactIn then SumIn(w.hops) else SumOut(w.hops))
            && (forall h :: h in w.hops ==> LiquidityMatches(Flat(pool.arrays), h.after))
            && InSwapOrder(order, w.hops)
            // the arrays used are the first one and those that hold a visited tick
            && (forall k :: 0 <= k < |w.hops| ==> exists s :: s in r.value.used && Holds(pool.span, s, w.hops[k].tick))
            && (forall s :: s in r.value.used ==>
                  s == first || exists k :: 0 <= k < |w.hops| && Holds(pool.span, s, w.hops[k].tick))
            && (forall u :: u in Flat(pool.arrays) && Passed(order, u, pool.tickCurrent, w.final.tick) ==>
                  exists h :: h in w.hops && h.tick == u)
  {
    var flat, s := Flat(pool.arrays), Initial(pool, amount);
    FlatDistinct(pool);
    hide PassIs;
    UsedHolds(pool, first, PoolWalk(lib, order, pool, amount, passes), r.value.used);
    SwapConservation(lib, order, flat, s, passes);
    EveryPassIsRight(lib, order, flat, s, passes);
    LiquidityAtEveryHead(lib, order, flat, s, passes);
    VisitedInOrder(lib, order, flat, s, passes);
    forall u | u in flat && Passed(order, u, pool.tickCurrent, PoolWalk(lib, order, pool, amount, passes).final.tick)
      ensures exists h :: h in PoolWalk(lib, order, pool, amount, passes).hops && h.tick == u
    {
      NoTickSkipped(lib, order, flat, s, passes, u);
    }
  }
}
