/** A pool's initialised ticks as the chain stores them: partitioned into arrays, with a bitmap of
    the array starts. The lookups follow the contracts the quote loop relies on. */
module TickArrays {
  import opened Wrappers
  import opened TickWalk

  datatype TickArray = TickArray(start: int, ticks: seq<Tick>)

  /** `span` is the number of tick indices one array covers; `arrays` are the arrays whose bit is set. */
  datatype Pool = Pool(price: int, tickCurrent: int, liquidity: int, span: int, arrays: seq<TickArray>)

  /** The start of the array that covers `tick`. Dafny's `/` floors for a positive divisor. */
  function ArrayStart(tick: int, span: int): int
    requires span > 0
  {
    tick / span * span
  }

  lemma MulMonotone(a: int, b: int, c: int)
    requires a <= b && c > 0
    ensures a * c <= b * c
  {
  }

  lemma ArrayStartBounds(x: int, span: int)
    requires span > 0
    ensures ArrayStart(x, span) <= x < ArrayStart(x, span) + span
  {
    assert x == x / span * span + x % span;
  }

  lemma ArrayStartMonotone(x: int, y: int, span: int)
    requires span > 0 && x <= y
    ensures ArrayStart(x, span) <= ArrayStart(y, span)
  {
    var p, q := x / span, y / span;
    assert (q + 1) * span == q * span + span;
    if p > q {
      ArrayStartBounds(x, span);
      ArrayStartBounds(y, span);
      MulMonotone(q + 1, p, span);
    } else {
      MulMonotone(p, q, span);
    }
  }

  predicate WellFormed(pool: Pool) {
    && pool.span > 0
    && (forall i, j :: 0 <= i < j < |pool.arrays| ==> pool.arrays[i].start < pool.arrays[j].start)
    && (forall a :: a in pool.arrays ==> HoldsItsTicks(a, pool.span))
  }

  predicate HoldsItsTicks(a: TickArray, span: int)
    requires span > 0
  {
    && ArrayStart(a.start, span) == a.start
    && DistinctTicks(a.ticks)
    && forall t :: t in a.ticks ==> ArrayStart(t.index, span) == a.start
  }

  /** No array whose bit is set is empty. */
  predicate BitmapIsExact(pool: Pool) {
    forall a :: a in pool.arrays ==> a.ticks != []
  }

  function Starts(arrays: seq<TickArray>): (starts: seq<int>)
    ensures |starts| == |arrays|
    ensures forall i :: 0 <= i < |arrays| ==> starts[i] == arrays[i].start
  {
    seq(|arrays|, i requires 0 <= i < |arrays| => arrays[i].start)
  }

  function Flat(arrays: seq<TickArray>): seq<Tick> {
    if arrays == [] then [] else arrays[0].ticks + Flat(arrays[1..])
  }

  // ---------------------------------------------------------------- library lookups

  /** Strictly beyond, in the direction of the swap. */
  predicate Beyond(order: Order, a: int, b: int) { AtOrBeyond(order, a, b) && a != b }

  /** The next array start strictly beyond `from`. */
  function NextStart(arrays: seq<TickArray>, order: Order, from: int): (r: Option<int>)
    ensures r.Some? ==> Beyond(order, r.value, from) && exists a :: a in arrays && a.start == r.value
    ensures forall a :: a in arrays && Beyond(order, a.start, from) ==> r.Some? && AtOrBeyond(order, a.start, r.value)
  {
    if arrays == [] then None
    else
      var rest := NextStart(arrays[1..], order, from);
      assert forall a :: a in arrays <==> a == arrays[0] || a in arrays[1..];
      assert arrays[0] in arrays;
      if !Beyond(order, arrays[0].start, from) then rest
      else if rest.Some? && AtOrBeyond(order, arrays[0].start, rest.value) then rest
      else Some(arrays[0].start)
  }

  predicate HasArray(arrays: seq<TickArray>, start: int) {
    exists a :: a in arrays && a.start == start
  }

  datatype FirstArrayResult = FirstArrayResult(matchesCurrent: bool, start: int)

  function FirstArray(pool: Pool, order: Order): Option<FirstArrayResult>
    requires pool.span > 0
  {
    var own := ArrayStart(pool.tickCurrent, pool.span);
    if HasArray(pool.arrays, own) then Some(FirstArrayResult(true, own))
    else
      match NextStart(pool.arrays, order, own)
      case None => None
      case Some(next) => Some(FirstArrayResult(false, next))
  }

  /** `next_initialized_tick`: nothing unless `tick` lies in this array. */
  function NextInitialized(a: TickArray, order: Order, tick: int, span: int): Option<Tick>
    requires span > 0
  {
    if ArrayStart(tick, span) != a.start then None else Nearest(a.ticks, order, tick)
  }

  /** `first_initialized_tick`: the tick met first when the array is entered from outside. */
  function FirstInitialized(a: TickArray, order: Order, span: int): Option<Tick>
    requires span > 0
  {
    Nearest(a.ticks, order, if order.zeroForOne then a.start + span - 1 else a.start - 1)
  }

  // ---------------------------------------------------------------- discovery

  /** The first `limit` array starts from `start` on, in traversal order. */
  function Discover(pool: Pool, order: Order, start: int, limit: nat): (starts: seq<int>)
    ensures |starts| <= limit
    decreases limit
  {
    if limit == 0 then []
    else
      match NextStart(pool.arrays, order, start)
      case None => [start]
      case Some(next) => [start] + Discover(pool, order, next, limit - 1)
  }

  lemma DiscoverStep(pool: Pool, order: Order, start: int, k: nat)
    requires k > 0 && |Discover(pool, order, start, k)| == k
    ensures var last := Discover(pool, order, start, k)[k - 1];
            Discover(pool, order, start, k + 1) ==
              match NextStart(pool.arrays, order, last)
              case None => Discover(pool, order, start, k)
              case Some(next) => Discover(pool, order, start, k) + [next]
    decreases k
  {
    if k == 1 {
      var r := NextStart(pool.arrays, order, start);
      if r.Some? {
        assert Discover(pool, order, r.value, 1) == [r.value] by { assert Discover(pool, order, r.value, 0) == []; }
      }
      assert Discover(pool, order, start, 1) == [start];
    } else {
      DiscoverStep(pool, order, NextStart(pool.arrays, order, start).value, k - 1);
    }
  }

  lemma {:induction false} DiscoverPrefix(pool: Pool, order: Order, start: int, k: nat, m: nat)
    requires k <= m
    ensures Discover(pool, order, start, k) <= Discover(pool, order, start, m)
    ensures |Discover(pool, order, start, k)| < k ==>
              Discover(pool, order, start, k) == Discover(pool, order, start, m)
    decreases k
  {
    if k > 0 {
      var r := NextStart(pool.arrays, order, start);
      if r.Some? {
        DiscoverPrefix(pool, order, r.value, k - 1, m - 1);
      }
    }
  }

  // ---------------------------------------------------------------- arrays against the flat sequence

  lemma {:induction false} FlatMembers(arrays: seq<TickArray>, t: Tick)
    ensures t in Flat(arrays) <==> exists a :: a in arrays && t in a.ticks
  {
    if arrays != [] {
      FlatMembers(arrays[1..], t);
      assert forall a :: a in arrays <==> a == arrays[0] || a in arrays[1..];
    }
  }

  lemma FlatDistinct(pool: Pool)
    requires WellFormed(pool)
    ensures DistinctTicks(Flat(pool.arrays))
    decreases |pool.arrays|
  {
    if pool.arrays != [] {
      var tail := pool.(arrays := pool.arrays[1..]);
      FlatDistinct(tail);
      var head := pool.arrays[0];
      var all, rest := Flat(pool.arrays), Flat(pool.arrays[1..]);
      assert head in pool.arrays && HoldsItsTicks(head, pool.span);
      forall i, j | 0 <= i < j < |all|
        ensures all[i].index != all[j].index
      {
        if j < |head.ticks| {
        } else if |head.ticks| <= i {
          assert all[i] == rest[i - |head.ticks|] && all[j] == rest[j - |head.ticks|];
        } else {
          assert all[j] == rest[j - |head.ticks|];
          FlatMembers(pool.arrays[1..], all[j]);
          var a :| a in pool.arrays[1..] && all[j] in a.ticks;
          assert all[i] in head.ticks && head in pool.arrays && a in pool.arrays;
          var k :| 1 <= k < |pool.arrays| && pool.arrays[k] == a;
          assert head.start < a.start;
          assert ArrayStart(all[i].index, pool.span) == head.start && ArrayStart(all[j].index, pool.span) == a.start;
        }
      }
    }
  }

  /** No tick still ahead lies in an array before the one starting at `start`. */
  ghost predicate NoneBefore(pool: Pool, order: Order, tick: int, start: int)
    requires pool.span > 0
  {
    forall t :: t in Flat(pool.arrays) && Ahead(order, t.index, tick) ==>
      AtOrBeyond(order, ArrayStart(t.index, pool.span), start)
  }

  lemma SameStartSameArray(pool: Pool, a: TickArray, b: TickArray)
    requires WellFormed(pool) && a in pool.arrays && b in pool.arrays && a.start == b.start
    ensures a == b
  {
    var i, j :| 0 <= i < |pool.arrays| && 0 <= j < |pool.arrays| && pool.arrays[i] == a && pool.arrays[j] == b;
  }

  /** Nearest within the array being read is nearest in the whole pool. */
  lemma {:induction false} NearestInArray(pool: Pool, order: Order, tick: int, a: TickArray, t: Tick)
    requires WellFormed(pool) && a in pool.arrays
    requires NoneBefore(pool, order, tick, a.start) && IsNearest(a.ticks, order, tick, t)
    ensures Nearest(Flat(pool.arrays), order, tick) == Some(t)
  {
    var flat := Flat(pool.arrays);
    FlatMembers(pool.arrays, t);
    forall u | u in flat && Ahead(order, u.index, tick)
      ensures AtOrBeyond(order, u.index, t.index)
    {
      FlatMembers(pool.arrays, u);
      var b :| b in pool.arrays && u in b.ticks;
      if b.start == a.start {
        SameStartSameArray(pool, a, b);
      } else if order.zeroForOne {
        if t.index < u.index { ArrayStartMonotone(t.index, u.index, pool.span); }
      } else {
        if u.index < t.index { ArrayStartMonotone(u.index, t.index, pool.span); }
      }
    }
    FlatDistinct(pool);
    NearestIsUnique(flat, order, tick, t);
  }

  /** Every tick of the array is still ahead. */
  predicate AllAhead(order: Order, a: TickArray, tick: int) {
    forall u :: u in a.ticks ==> Ahead(order, u.index, tick)
  }

  lemma FirstIsNearest(pool: Pool, order: Order, tick: int, a: TickArray, t: Tick)
    requires WellFormed(pool) && a in pool.arrays && AllAhead(order, a, tick)
    requires FirstInitialized(a, order, pool.span) == Some(t)
    ensures IsNearest(a.ticks, order, tick, t)
  {
    forall u | u in a.ticks
      ensures Ahead(order, u.index, if order.zeroForOne then a.start + pool.span - 1 else a.start - 1)
    {
      ArrayStartBounds(u.index, pool.span);
    }
  }

  lemma AheadInLaterArray(pool: Pool, order: Order, tick: int, a: TickArray)
    requires WellFormed(pool) && a in pool.arrays && Beyond(order, a.start, ArrayStart(tick, pool.span))
    ensures AllAhead(order, a, tick)
  {
    forall u | u in a.ticks
      ensures Ahead(order, u.index, tick)
    {
      if order.zeroForOne {
        if tick < u.index { ArrayStartMonotone(tick, u.index, pool.span); }
      } else {
        if u.index <= tick { ArrayStartMonotone(u.index, tick, pool.span); }
      }
    }
  }

  /** The first tick of an array that holds any exists. */
  lemma FirstExists(pool: Pool, order: Order, a: TickArray)
    requires WellFormed(pool) && a in pool.arrays && a.ticks != []
    ensures FirstInitialized(a, order, pool.span).Some?
  {
    var u := a.ticks[0];
    assert u in a.ticks;
    ArrayStartBounds(u.index, pool.span);
  }

  /** Where the loop stands: `current` is the array being read and nothing ahead was left behind.
      While the first array is yet to be entered the tick lies before it; afterwards the tick lies in
      it, or just below it once its lowest tick has been crossed downwards. */
  ghost predicate Positioned(pool: Pool, order: Order, tick: int, current: TickArray, matches: bool)
    requires pool.span > 0
  {
    && current in pool.arrays
    && NoneBefore(pool, order, tick, current.start)
    && var own := ArrayStart(tick, pool.span);
       if matches then own == current.start || (order.zeroForOne && tick == current.start - 1)
       else Beyond(order, current.start, own)
  }

  lemma PositionedAtStart(pool: Pool, order: Order, current: TickArray)
    requires WellFormed(pool) && current in pool.arrays
    requires FirstArray(pool, order).Some? && FirstArray(pool, order).value.start == current.start
    ensures Positioned(pool, order, pool.tickCurrent, current, FirstArray(pool, order).value.matchesCurrent)
  {
    var own := ArrayStart(pool.tickCurrent, pool.span);
    forall t | t in Flat(pool.arrays) && Ahead(order, t.index, pool.tickCurrent)
      ensures AtOrBeyond(order, ArrayStart(t.index, pool.span), current.start)
    {
      FlatMembers(pool.arrays, t);
      var a :| a in pool.arrays && t in a.ticks;
      if order.zeroForOne {
        ArrayStartMonotone(t.index, pool.tickCurrent, pool.span);
      } else {
        ArrayStartMonotone(pool.tickCurrent, t.index, pool.span);
      }
    }
  }

  /** No tick of the array being read is still ahead once its lookup finds nothing. */
  lemma CurrentUsedUp(pool: Pool, order: Order, tick: int, current: TickArray, t: Tick)
    requires WellFormed(pool) && Positioned(pool, order, tick, current, true)
    requires NextInitialized(current, order, tick, pool.span).None? && t in current.ticks
    ensures !Ahead(order, t.index, tick)
  {
    ArrayStartBounds(t.index, pool.span);
  }

  /** After the current array is used up, everything still ahead is in later arrays. */
  lemma {:induction false} UsedUp(pool: Pool, order: Order, tick: int, current: TickArray)
    requires WellFormed(pool) && Positioned(pool, order, tick, current, true)
    requires NextInitialized(current, order, tick, pool.span).None?
    ensures match NextStart(pool.arrays, order, current.start)
            case None => Nearest(Flat(pool.arrays), order, tick).None?
            case Some(next) => NoneBefore(pool, order, tick, next)
  {
    forall t | t in Flat(pool.arrays) && Ahead(order, t.index, tick)
      ensures Beyond(order, ArrayStart(t.index, pool.span), current.start)
      ensures HasArray(pool.arrays, ArrayStart(t.index, pool.span))
    {
      FlatMembers(pool.arrays, t);
      var a :| a in pool.arrays && t in a.ticks;
      if t in current.ticks {
        CurrentUsedUp(pool, order, tick, current, t);
      } else if a.start == current.start {
        SameStartSameArray(pool, a, current);
      }
    }
  }

  /** The array after a used-up one lies wholly ahead. */
  lemma {:induction false} NextArrayAhead(pool: Pool, order: Order, tick: int, current: TickArray, next: TickArray)
    requires WellFormed(pool) && Positioned(pool, order, tick, current, true) && next in pool.arrays
    requires NextStart(pool.arrays, order, current.start) == Some(next.start)
    ensures AllAhead(order, next, tick)
  {
    if ArrayStart(tick, pool.span) == current.start {
      AheadInLaterArray(pool, order, tick, next);
    } else {
      forall u | u in next.ticks
        ensures Ahead(order, u.index, tick)
      {
        if current.start <= u.index { ArrayStartMonotone(current.start, u.index, pool.span); }
      }
    }
  }

  /** Crossing a tick of the current array keeps the position. */
  lemma PositionedAfterCrossing(pool: Pool, order: Order, tick: int, current: TickArray, t: Tick, tick': int)
    requires WellFormed(pool) && current in pool.arrays && t in current.ticks
    requires NoneBefore(pool, order, tick, current.start) && Ahead(order, t.index, tick)
    requires tick' == if order.zeroForOne then t.index - 1 else t.index
    ensures Positioned(pool, order, tick', current, true)
  {
    if order.zeroForOne {
      ArrayStartMonotone(tick', t.index, pool.span);
      ArrayStartBounds(t.index, pool.span);
      if current.start <= tick' {
        ArrayStartMonotone(current.start, tick', pool.span);
      }
    }
    assert forall u :: u in Flat(pool.arrays) && Ahead(order, u.index, tick') ==> Ahead(order, u.index, tick);
  }
}
